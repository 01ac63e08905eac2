/** Concrete cases of the model mirroring decorator/test_decorator.py. Each
    method builds a chain and returns what the test inspects, and its
    postcondition is the value the model gives, with the code's flat
    surcharges, in cents. The lemmas before them state the values of the
    pure parts of each case. */
module Scenarios {
  import opened Wrappers
  import opened Beverages
  import opened Condiments
  import opened Builder
  import opened BuilderProperties
  import ChainProperties

  lemma DoubleMochaValues()
    ensures ChainCost(DarkRoast, Tall, [Mocha, Mocha]) == 139
    ensures ChainDescription(DarkRoast, [Mocha, Mocha]) == "Café Dark Roast, Mocha, Mocha"
  {
    assert [Mocha, Mocha][..1] == [Mocha] && [Mocha][..0] == [];
    assert Suffixes([Mocha]) == ", Mocha";
  }

  lemma TwoLayerCost(base: BaseKind, size: Size, inner: CondimentKind, outer: CondimentKind)
    ensures ChainCost(base, size, [inner, outer]) == BasePrice(base) + Surcharge(inner, size) + Surcharge(outer, size)
  {
    assert [inner, outer][..1] == [inner] && [inner][..0] == [];
    assert SurchargeTotal([inner], size) == Surcharge(inner, size);
  }

  lemma ResolveDoubleSoy()
    ensures Resolve("houseblend", "tall", ["soy", "soy"]) == Success(Order(HouseBlend, Tall, [Soy, Soy]))
  {
    LowerKeepsLowercase("houseblend");
    LowerKeepsLowercase("soy");
    LowerKeepsLowercase("tall");
    KeysResolve(HouseBlend, Soy, Tall, "houseblend", "soy", "tall");
    ResolveCondimentsSucceeds(["soy", "soy"], [Soy, Soy]);
  }

  lemma ResolveAllFive()
    ensures Resolve("decaf", "grande", ["milk", "mocha", "soy", "whip", "caramel"])
         == Success(Order(Decaf, Grande, [Milk, Mocha, Soy, Whip, Caramel]))
  {
    LowerKeepsLowercase("decaf");
    LowerKeepsLowercase("grande");
    LowerKeepsLowercase("milk");
    LowerKeepsLowercase("mocha");
    LowerKeepsLowercase("soy");
    LowerKeepsLowercase("whip");
    LowerKeepsLowercase("caramel");
    KeysResolve(Decaf, Milk, Grande, "decaf", "milk", "grande");
    LookupCondimentExact("mocha", Mocha);
    LookupCondimentExact("soy", Soy);
    LookupCondimentExact("whip", Whip);
    LookupCondimentExact("caramel", Caramel);
    ResolveCondimentsSucceeds(["milk", "mocha", "soy", "whip", "caramel"], [Milk, Mocha, Soy, Whip, Caramel]);
  }

  lemma AllFiveCost()
    ensures ChainCost(Decaf, Grande, [Milk, Mocha, Soy, Whip, Caramel]) == 180
  {
    var layers := [Milk, Mocha, Soy, Whip, Caramel];
    ChainProperties.SurchargeTotalByCount(layers, Grande);
    assert multiset(layers)[Milk] == 1 && multiset(layers)[Whip] == 1;
    assert multiset(layers)[Mocha] == 1 && multiset(layers)[Caramel] == 1 && multiset(layers)[Soy] == 1;
  }

  lemma ResolveUnknownBase()
    ensures Resolve("invalid_beverage", "tall", []) == Failure("Bebida base desconocida: invalid_beverage")
  {
    LowerKeepsLowercase("invalid_beverage");
    assert LookupBase("invalid_beverage") == None;
    assert UnknownBaseMessage("invalid_beverage") == "Bebida base desconocida: invalid_beverage";
  }

  lemma EspressoAndInvalidCondiment()
    ensures LookupBase("espresso") == Some(Espresso)
    ensures LookupCondiment("invalid_condiment") == None
  {
    LowerKeepsLowercase("espresso");
    LowerKeepsLowercase("invalid_condiment");
  }

  lemma ResolveUnknownCondiment()
    ensures Resolve("espresso", "tall", ["invalid_condiment"]) == Failure("Condimento desconocido: invalid_condiment")
  {
    EspressoAndInvalidCondiment();
    assert FirstUnknown(["invalid_condiment"], 0);
    ResolveFailsAt(["invalid_condiment"], 0);
    InvalidCondimentMessage();
  }

  lemma InvalidCondimentMessage()
    ensures UnknownCondimentMessage("invalid_condiment") == "Condimento desconocido: invalid_condiment"
  {
  }

  /** Setting each size in turn is read back each time. */
  method SetSizeReadsBack() returns (first: Size, a: Size, b: Size, c: Size)
    ensures first == Tall && a == Grande && b == Venti && c == Tall
  {
    var espresso := new Beverage(Espresso);
    first := espresso.GetSize();
    espresso.SetSize(Grande);
    a := espresso.GetSize();
    espresso.SetSize(Venti);
    b := espresso.GetSize();
    espresso.SetSize(Tall);
    c := espresso.GetSize();
  }

  /** Mocha(Mocha(DarkRoast)) at TALL. */
  method DoubleMocha() returns (cents: nat, text: string)
    ensures cents == 139
    ensures text == "Café Dark Roast, Mocha, Mocha"
  {
    var darkRoast := new Beverage(DarkRoast);
    darkRoast.SetSize(Tall);
    var m1 := new CondimentDecorator(Mocha, Bare(darkRoast));
    var m2 := new CondimentDecorator(Mocha, Decorated(m1));
    cents := m2.Cost();
    text := m2.GetDescription();
    assert m2.root == darkRoast && m2.layers == [Mocha, Mocha];
    DoubleMochaValues();
  }

  /** Soy(Mocha(Espresso)) resized to VENTI through the outer handle: the
      inner base sees VENTI, and with the code's flat surcharges, in cents,
      it costs 199 + 20 + 20 (the test expects 249, assuming a VENTI Mocha
      costs 30). */
  method SizePropagation() returns (baseSize: Size, outerSize: Size, cents: nat)
    ensures baseSize == Venti && outerSize == Venti
    ensures cents == 239
  {
    var espresso := new Beverage(Espresso);
    var mocha := new CondimentDecorator(Mocha, Bare(espresso));
    var soy := new CondimentDecorator(Soy, Decorated(mocha));
    var decorated := Decorated(soy);
    decorated.SetSize(Venti);
    baseSize := espresso.GetSize();
    outerSize := decorated.GetSize();
    cents := decorated.Cost();
    assert soy.root == espresso && soy.layers == [Mocha, Soy];
    TwoLayerCost(Espresso, Venti, Mocha, Soy);
  }

  /** Soy reads the size on every call: resizing after wrapping changes the
      next price. */
  method SoyRepricesAfterResize() returns (before: nat, after: nat)
    ensures before == 89 + 10 && after == 89 + 15
  {
    var houseBlend := new Beverage(HouseBlend);
    var soy := new CondimentDecorator(Soy, Bare(houseBlend));
    before := soy.Cost();
    houseBlend.SetSize(Grande);
    after := soy.Cost();
  }

  /** `build_beverage("houseblend", "tall", ["soy", "soy"])`. */
  method BuildDoubleSoy() returns (ok: bool, cents: nat, size: Size)
    ensures ok && cents == 109 && size == Tall
  {
    ResolveDoubleSoy();
    TwoLayerCost(HouseBlend, Tall, Soy, Soy);
    var r := BuildBeverage("houseblend", "tall", ["soy", "soy"]);
    ok := r.Success?;
    if ok {
      cents := r.value.Cost();
      size := r.value.GetSize();
    }
  }

  /** `build_beverage("decaf", "grande", [all five])`: with the code's flat
      surcharges, in cents, it costs 105 + 10 + 20 + 15 + 10 + 20 (the test
      expects 200, assuming GRANDE surcharges for every condiment). */
  method BuildAllFive() returns (ok: bool, cents: nat)
    ensures ok && cents == 180
  {
    ResolveAllFive();
    AllFiveCost();
    var r := BuildBeverage("decaf", "grande", ["milk", "mocha", "soy", "whip", "caramel"]);
    ok := r.Success?;
    if ok {
      cents := r.value.Cost();
    }
  }

  /** An unknown base name is reported with the name as given. */
  method BuildUnknownBase() returns (r: Result<Drink, string>)
    ensures r == Failure("Bebida base desconocida: invalid_beverage")
  {
    ResolveUnknownBase();
    r := BuildBeverage("invalid_beverage");
  }

  /** An unknown condiment name is reported and no drink is returned. */
  method BuildUnknownCondiment() returns (failed: bool, message: string)
    ensures failed && message == "Condimento desconocido: invalid_condiment"
  {
    ResolveUnknownCondiment();
    var r := BuildBeverage("espresso", "tall", ["invalid_condiment"]);
    failed := r.Failure?;
    message := if failed then r.error else "";
  }
}
