# Starbuzz coffee pricer: a Dafny model of the decorator core

This project models the decorator-pattern coffee pricer in `decorator/`, and
proves properties of that model. The pricer has four parts:

- **Base drinks** (`decorator/beverages.py`). There are four kinds: HouseBlend,
  DarkRoast, Decaf and Espresso. Each has a fixed name and a fixed price. Each
  also stores the only mutable state in the system, a size from the closed
  enumeration TALL / GRANDE / VENTI, which starts as TALL.
- **Condiment decorators** (`decorator/condiments.py`). There are five: Milk,
  Mocha, Soy, Whip and Caramel. Each owns one inner drink and keeps no size.
  Size queries and updates go through to the inner drink, down to the base.
  The description is the inner description followed by `", "` and the
  condiment's label. The cost is the inner cost plus a surcharge: a flat one
  for Milk, Mocha, Whip and Caramel, and for Soy one that depends on the size,
  read on every call.
- **The builder** (`decorator/builder.py`). It looks up a base name and a size
  name case-insensitively; an unknown size becomes TALL. It then wraps the
  condiment names in list order. An unknown base or condiment name is an
  error carrying that name.
- **The size-to-price selector** (`decorator/utils.py`).

Money is integer cents: `Decimal("0.89")` is 89 and the literal `0.10` is 10.

## Structure

| file | module | what it holds |
|---|---|---|
| `wrappers.dfy` | `Wrappers` | `Option`, `Result` |
| `beverages.dfy` | `Beverages` | `Size`, `BaseKind`, the price and name tables, the base-drink class `Beverage` with its mutable `size` |
| `utils.dfy` | `Utils` | `SizeBasedCost` |
| `condiments.dfy` | `Condiments` | `CondimentKind`, labels and surcharges, the closed forms `ChainCost` / `ChainDescription`, the class `CondimentDecorator` and the handle type `Drink` |
| `chain_properties.dfy` | `ChainProperties` | lemmas about prices, descriptions and the shared size of a chain |
| `builder.dfy` | `Builder` | `Lower`, the three tables, the lookups, the pure `Resolve` and the method `BuildBeverage` |
| `builder_properties.dfy` | `BuilderProperties` | lemmas about case-insensitive, exact lookups and the shape of a built chain |
| `scenarios.dfy` | `Scenarios` | the test file's concrete cases, stated on the model |

How the object structure is modelled:

- Python's class hierarchy becomes two Dafny classes and one sum type. The
  Python type `Beverage` (any drink) becomes `Drink = Bare(Beverage) |
  Decorated(CondimentDecorator)`, and `Drink`'s members dispatch on the
  variant. The four base classes are folded into `Beverage.kind`, and the
  five decorator classes into `CondimentDecorator.kind`.
- A decorator's `inner` is a `const`. A base drink's `kind` and `description`
  are `const`. The only field any method writes is `Beverage.size`.
- A decorator carries two proof-only fields. `root` is the innermost base and
  `layers` the condiment kinds from the innermost out. `Valid()` ties both to
  the `inner` chain, and `|layers|` serves as the termination measure of the
  recursive calls.
- `Cost` and `GetSize` read only `root`, and `GetDescription` reads no mutable
  state at all. `SetSize` modifies only `root`.
- `Cost` and `GetDescription` are proved equal to closed forms over
  `(root.kind, root.size, layers)`:
  - `ChainCost` is the base price plus the sum of the surcharges.
  - `ChainDescription` is the base name followed by `", " + label` for each
    layer.

  The lemmas in `ChainProperties` are stated about these closed forms.

Where the code and its tests disagree, the model follows the code:

- The tests expect size-dependent surcharges for Milk, Mocha, Whip and
  Caramel (`decorator/test_decorator.py:84, 116, 209-211, 296-297, 318-325`).
  The code charges those four a flat amount
  (`decorator/condiments.py:47, 59, 98, 110`), and so does the model. As a
  result:
  - `Scenarios.SizePropagation` gives 239 cents where
    `decorator/test_decorator.py:209-211` expects 249;
  - `Scenarios.BuildAllFive` gives 180 where
    `decorator/test_decorator.py:318-325` expects 200.

## Model

| member | source | states |
|---|---|---|
| `Beverages.Beverage.constructor` | decorator/beverages.py:27-29 | a new base drink has the given kind and size TALL |
| `Beverages.Beverage.GetDescription` | decorator/beverages.py:31-105 | the description is "Café de la Casa", "Café Dark Roast", "Café Descafeinado" or "Espresso" by kind |
| `Beverages.Beverage.Cost` | decorator/beverages.py:68-108 | the price is 89, 99, 105 or 199 cents by kind; the function reads no mutable field, so the size cannot change it |
| `Beverages.Beverage.GetSize` | decorator/beverages.py:43-47 | returns the stored size |
| `Beverages.Beverage.SetSize` | decorator/beverages.py:37-41 | afterwards the stored size, and `GetSize()`, are the new size; only this object is modified, and kind and description are constants |
| `Utils.SizeBasedCost` | decorator/utils.py:3-14 | returns the TALL, GRANDE or VENTI argument for that size, so always one of its three arguments; the GRANDE fallback cannot be reached with a three-valued `Size` |
| `Condiments.Surcharge` | decorator/condiments.py:46-110 | Milk and Whip add 10 and Mocha and Caramel add 20 at every size; Soy adds `SizeBasedCost(size, 10, 15, 20)` |
| `Condiments.CondimentDecorator.constructor` | decorator/condiments.py:17-18 | a decorator holds exactly the given inner drink, shares its root base, and has one more layer, its own kind, at the outside |
| `Condiments.CondimentDecorator.GetSize` | decorator/condiments.py:26-30 | a decorator at any depth reports the root base's size |
| `Condiments.CondimentDecorator.SetSize` | decorator/condiments.py:20-24 | updating the size through a decorator writes the root base's size and nothing else |
| `Condiments.CondimentDecorator.GetDescription` | decorator/condiments.py:43-107 | the description is the base name followed by ", " + label for every layer, innermost first |
| `Condiments.CondimentDecorator.Cost` | decorator/condiments.py:46-110 | the cost is the base price plus each layer's surcharge at the root's current size; a function, so it changes no state |
| `Condiments.Drink.GetSize` | decorator/condiments.py:26-30 | any handle, bare or decorated, reports its root's size |
| `Condiments.Drink.SetSize` | decorator/condiments.py:20-24 | updating through any handle modifies only the root, which then holds the new size |
| `Condiments.Drink.GetDescription` | decorator/condiments.py:43-107 | any handle's description is the closed-form chain description |
| `Condiments.Drink.Cost` | decorator/condiments.py:46-110 | any handle's cost is the closed-form chain cost at the root's current size |
| `ChainProperties.SurchargeTotalAppend` | decorator/condiments.py:46-110 | surcharges of layers added in two rounds sum |
| `ChainProperties.SurchargeTotalByCount` | decorator/condiments.py:46-110 | a chain's surcharges are 10 per Milk or Whip, 20 per Mocha or Caramel, and Soy's size amount per Soy |
| `ChainProperties.CostIgnoresOrder` | decorator/condiments.py:46-110 | two chains with the same condiments in any order cost the same |
| `ChainProperties.CostIgnoresSizeWithoutSoy` | decorator/condiments.py:46-110 | without a Soy layer the size does not change the price |
| `ChainProperties.ChainCostBounds` | decorator/condiments.py:46-110 | each layer adds 10 to 20 cents, and TALL ≤ GRANDE ≤ VENTI in price |
| `ChainProperties.SuffixesAppend` | decorator/condiments.py:43-107 | labels of layers added in two rounds appear in that order |
| `ChainProperties.InnermostLabelFirst` | decorator/condiments.py:43-107 | the first-wrapped condiment's label comes right after the base name |
| `ChainProperties.DescriptionDeterminesChain` | decorator/condiments.py:43-107 | equal descriptions imply the same base kind and the same condiments in the same order |
| `ChainProperties.UnwrapSharesRoot` | decorator/condiments.py:17-30 | every handle inside a chain is well formed, has the same root, and wraps the matching prefix of layers |
| `ChainProperties.UnwrapAllIsRoot` | decorator/condiments.py:17-30 | peeling all layers leaves the bare root drink: one base under exactly `|layers|` decorators |
| `ChainProperties.ChainSharesSize` | decorator/condiments.py:20-30 | all handles on one chain, the base included, report the same size |
| `Builder.Lower` | decorator/builder.py:37 | `str.lower` for ASCII: same length, capitals become small, nothing else changes |
| `Builder.LookupBase` | decorator/builder.py:37-39 | a found base is the kind whose key the lowered name equals; not found means it equals no key |
| `Builder.LookupCondiment` | decorator/builder.py:44-46 | likewise for condiment names |
| `Builder.ParseSize` | decorator/builder.py:41 | a lowered size key gives its size, anything else gives TALL |
| `Builder.ResolveCondiments` | decorator/builder.py:42-47 | succeeds iff every name is a condiment, with one kind per name in list order; otherwise fails with the message for the first unknown name |
| `Builder.ResolveFailsAt` | decorator/builder.py:43-46 | the first unknown name is the one reported |
| `Builder.ResolveCondimentsSucceeds` | decorator/builder.py:42-47 | names that each resolve to the matching kind resolve to exactly that kind list |
| `Builder.Resolve` | decorator/builder.py:30-48 | unknown base → "Bebida base desconocida: " + name, checked before condiments; unknown condiment → its error; otherwise the base kind, the parsed size and the condiment kinds |
| `Builder.WrapCondiments` | decorator/builder.py:42-47 | the wrapping loop fails exactly when some name is not a condiment, with the first such name's message; otherwise it yields a valid chain on the given base whose layers are the resolved kinds in list order |
| `Builder.BuildBeverage` | decorator/builder.py:30-48 | fails exactly when `Resolve` does, with the same message; otherwise returns a valid chain on a fresh base of the resolved kind and size with exactly the resolved layers |
| `BuilderProperties.LowerIdempotent` | decorator/builder.py:37 | lowering twice is lowering once |
| `BuilderProperties.LowerKeepsLowercase` | decorator/builder.py:37 | text without capitals is unchanged |
| `BuilderProperties.LookupsIgnoreCase` | decorator/builder.py:37-44 | base, condiment and size lookups give the same result for a name and its lowered form |
| `BuilderProperties.LookupBaseExact` | decorator/builder.py:8-13 | a base name resolves to a kind iff it lowers to that kind's key |
| `BuilderProperties.LookupCondimentExact` | decorator/builder.py:15-21 | a condiment name resolves to a kind iff it lowers to that kind's key |
| `BuilderProperties.ParseSizeExact` | decorator/builder.py:23-27 | a size name gives a size iff it lowers to its key, or it is no key and the size is TALL |
| `BuilderProperties.KeysResolve` | decorator/builder.py:8-27 | every key, in any mix of capitals, resolves to its own value |
| `BuilderProperties.ResolveCondimentsExact` | decorator/builder.py:42-47 | the list resolves to given kinds iff each name resolves to the kind at its position |
| `BuilderProperties.SizeNameNeverFails` | decorator/builder.py:41 | the size name never changes whether a build fails or its error, only the result's size |
| `BuilderProperties.BuiltChain` | decorator/builder.py:42-48 | one layer per name; no names gives the bare base at its price and name; the first name's label comes first and the last name's last |
| `Scenarios.SetSizeReadsBack` | decorator/test_decorator.py:45-59 | the default size is TALL and each size set is read back |
| `Scenarios.DoubleMocha` | decorator/test_decorator.py:124-136 | Mocha(Mocha(DarkRoast)) costs 139 and reads "Café Dark Roast, Mocha, Mocha" |
| `Scenarios.SizePropagation` | decorator/test_decorator.py:198-211 | resizing through the outer decorator is seen by the base; with the code's flat surcharges, in cents, the cost is 239 (the test expects 249) |
| `Scenarios.SoyRepricesAfterResize` | decorator/condiments.py:71-86 | resizing the base after wrapping changes Soy's next price from 99 to 104 |
| `Scenarios.BuildDoubleSoy` | decorator/test_decorator.py:301-307 | build("houseblend", "tall", ["soy", "soy"]) costs 109 at TALL |
| `Scenarios.BuildAllFive` | decorator/test_decorator.py:312-325 | the five-condiment GRANDE decaf costs 180 with the code's flat surcharges, in cents (the test expects 200) |
| `Scenarios.BuildUnknownBase` | decorator/test_decorator.py:364-367 | an unknown base fails with "Bebida base desconocida: invalid_beverage" |
| `Scenarios.BuildUnknownCondiment` | decorator/test_decorator.py:369-372 | an unknown condiment fails with "Condimento desconocido: invalid_condiment" and returns no drink |

`Size` is a three-constructor datatype, so the enumeration is closed by
construction (`decorator/beverages.py:10-17`). That is also why `SizeBasedCost`
and `SoySurcharge` have no fallback branch.

## Left out

- Decimal and floating-point arithmetic. Every amount is exact integer cents.
  The source adds float surcharges to `Decimal` prices, which Python rejects
  with a `TypeError`, and the model does not reproduce that.
  `:.2f` formatting is not modelled either.
- `PrettyDescriptionDecorator` and its "Double / Triple / Nx" grouping. The
  tests import it, but no file of the code defines it, and `build_beverage`
  never applies it.
- The size-dependent Milk, Mocha, Whip and Caramel surcharges that the tests
  expect. The code charges them flat, and so does the
  model.
- Builder.Lower: only the ASCII letters A–Z are lowered. Python's
  `str.lower` also lowers other Unicode capitals; for example the Kelvin sign
  lowers to `k`, so in Python it would match inside "darkroast".
- The builder's `condiments=None` default is modelled as the empty list. Both
  skip the loop.
- The first `description = "Bebida Desconocida"` assignment of
  `Beverage.__init__`. Every concrete constructor overwrites it at once, so
  the model sets each kind's name directly.
- Sizes outside the enumeration. Python does not enforce the `Size`
  annotation, so `set_size` stores any value it is given. With such a value,
  Soy charges its fallback of 15 (`decorator/condiments.py:83-84`) and
  `calculate_size_based_cost` returns `grande_cost`
  (`decorator/utils.py:13-14`). The model's closed `Size` type excludes such
  values, so neither fallback is modelled.
- `Size`'s string values ("Tall", "Grande", "Venti"): nothing in the core
  reads them.
- `decorator/main.py`, `main.py` and `factory/` are print-driven demos outside
  this core.
- `decorator/test_decorator.py` is not modelled as code. Its concrete cases
  appear as the `Scenarios` methods.
